# Hangman bot for Twitch chat, modelled in Dafny

The bot plays Hangman in Twitch channels. It keeps one round of state per channel (data/hangman.js).
The older bot kept a single round in module-level variables (commands/hangman-commands.js).
Per channel it also keeps:
- a score ledger with a scoreboard sorted by wins (data/scores.js, older data/model/scores.js);
- a settings store (data/settings.js, older data/model/settings.js);
- the channel id to name registry (data/name-functions.js, data/name.js).

Chat messages starting with "!" are routed by the 'message' listeners of client/new-hangman-client.js and
commands/new-hangman-client.js. Setting commands go to the handlers of commands/setting-commands.js, and only for
admins. Game commands go to the game handlers.

The Dafny project models that core:

- `Hangman.ChannelHangman` and `HangmanCommands.Game` are classes whose fields are the source's state.
  - Their methods are proved against pure specification functions, for example
    `(State(), reply) == GuessStep(old(State()), message)`.
  - Lemmas about those functions state what a round promises: exactly the matching positions are revealed;
    a miss costs exactly one life; the round ends exactly at zero lives; a win happens exactly when the word is
    complete; a rejected guess changes nothing.
- `Scores.ChannelScores` and `LegacyScores.ChannelScores` keep the ledger invariant: wins at most games played,
  unique ids, entry wins summing to the channel's wins, and (newer ledger) a board sorted by wins.
  - The module `Scoreboard` holds the upsert, the stable descending sort, the rank lookup and the top-ten text,
    with their lemmas.
- `Settings.ChannelSettings` and `LegacySettings.ChannelSettings` hold the range-checked setters.
  - The older class has three definitions of `getSubOnly`/`setSubOnly`. In a JavaScript class body the last one
    wins, so the effective pair reads and writes `autoPlay`. The model follows that.
  - Both settings texts are proved to read back: splitting the text at spaces and parsing the number words with
    `parseInt` gives the stored values.
- `SettingCommands` holds the classifiers and handlers of the setting commands. `Routing` holds the two listeners'
  routing decisions.
  - utils/commands.js defines no command word for the error, auto-play timer, win message and reset-scores
    commands. The model makes those words parameters. `Routing.ClientErrorUnreachable` shows that with the error
    word undefined, as shipped, the error handler can never be reached.
  - The newer listener imports `isHangmanResetScores`, which commands/hangman-commands.js does not export, so
    calling it throws for every '!' message that is not a guess. `Routing.ClientAsShipped` shows that then only
    "!guess" reaches a chat handler.
- `Names`, `Users`, `Numbers` and `WinMessage` model the registry, the badge tests, `ordinalSuffix` and the
  `$user` substitution.
- Shared JavaScript behaviour is modelled once:
  - `JsString`: `split(" ")`, `join`, `startsWith`, `toUpperCase` on ASCII;
  - `Decimal`: `${i}` and `parseInt`;
  - `Guesses`: the default string sort, counting and revealing letters.

Interfaces to the outside become parameters:
- `Date.now()` is the parameter `now`.
- The dictionary's randomly selected word is the parameter `selectedWord`.
- The parsed content of a JSON file is an `Option` parameter.
- A setter that data/settings.js does not define is a returned `SetterCall` together with a parameter for the
  setter's answer.

## Model

| member | source | states |
|---|---|---|
| Commands.IsCommand | commands/setting-commands.js:19 | `startsWith(word) && split(" ")[0] === word` holds exactly when the message's first space-separated token is the word |
| Commands.LongerWordIsNotCommand | commands/setting-commands.js:19 | a single token that merely extends the word ("!letters" for "!letter") is not the command |
| JsString.Split | commands/hangman-commands.js:83 | `split(" ")` gives at least one piece, no piece holds a space, and there is exactly one piece iff the text has no space |
| JsString.JoinSplit | commands/hangman-commands.js:83 | joining the pieces of a split with " " gives back the original text |
| JsString.SplitJoin | data/settings.js:176-180 | splitting a " "-join of space-free pieces gives back the pieces |
| JsString.FirstToken | commands/setting-commands.js:19 | `split(" ")[0]` is a prefix of the text, holds no space, and is the whole text when there is no space |
| JsString.AfterFirstSpace | commands/setting-commands.js:183 | `substr(indexOf(" ") + 1)` is the rest after the first token and one space; without a space it is the whole text |
| JsString.StartsWith | client/new-hangman-client.js:79 | `message.startsWith("!")`: the text begins with the prefix; a specification predicate with no contract of its own |
| JsString.Join | data/hangman.js:131-133 | `parts.join(sep)`: a specification function with no contract of its own; `JsString.JoinLayout` states its layout |
| JsString.JoinLayout | data/hangman.js:131-133 | every piece of a join sits at its offset, the separator follows every piece but the last, and the text ends with the last piece |
| JsString.ToUpper | commands/hangman-commands.js:51 | upper-casing keeps the length and maps each character on its own |
| Decimal.IntToString | utils/numbers.js:10 | the decimal text of an integer is non-empty, starts with '-' exactly for negatives, and holds no space |
| Decimal.NatToString | utils/numbers.js:10 | the decimal text of a natural number is non-empty, all digits, and starts with '0' only for zero |
| Decimal.DecValueOfNatToString | utils/numbers.js:10 | the digits written for a natural number evaluate back to it |
| Decimal.ParseIntOfIntToString | commands/setting-commands.js:31 | `parseInt` of an integer's decimal text, followed by nothing or by a non-digit, gives back the integer |
| Decimal.ParseInt | commands/setting-commands.js:31 | `parseInt(s)` is NaN for blank text and for text whose first non-blank character is neither a digit nor a sign; a leading decimal digit not followed by "x" gives a non-negative number; a negative result needs a leading '-' |
| Guesses.CountOf | data/hangman.js:206-215 | the count of a letter in a word is at most the word's length, and zero exactly when the letter is absent |
| Guesses.CountOfIsMatches | data/hangman.js:206-215 | the count equals the number of positions holding the letter |
| Guesses.Masked | commands/hangman-commands.js:52 | the fresh progress is as long as the word |
| Guesses.Revealed | data/hangman.js:206-215 | revealing keeps the progress's length |
| Guesses.RevealedChangesOnlyMatches | data/hangman.js:206-215 | revealing sets exactly the positions where the word holds the letter to that letter, and keeps every other position |
| Guesses.RevealedIdempotent | data/hangman.js:206-215 | revealing the same letter again leaves the progress as it was after the first reveal |
| Guesses.LexLeTotal | commands/hangman-commands.js:100 | the default string order relates every two strings |
| Guesses.LexLeTransitive | commands/hangman-commands.js:100 | the default string order is transitive |
| Guesses.InsertString | commands/hangman-commands.js:99-100 | inserting one string adds exactly that string to the list's multiset |
| Guesses.SortStrings | commands/hangman-commands.js:99-100 | the default sort is a permutation of its input |
| Guesses.InsertStringSorted | commands/hangman-commands.js:99-100 | inserting into a sorted list keeps it sorted |
| Guesses.SortStringsSorted | commands/hangman-commands.js:99-100 | the default sort's result is sorted |
| Hangman.ChannelHangman.constructor | data/hangman.js:21-29 | a new round is not started, has 6 lives, empty guesses, word and progress, and two empty cooldown maps |
| Hangman.ChannelHangman.GetLetterCooldown | data/hangman.js:36-42 | the result is non-zero exactly when the user has a stored expiry later than now, and is then that expiry |
| Hangman.ChannelHangman.SetLetterCooldown | data/hangman.js:49-51 | only the user's entry of the letter map changes, to the given time |
| Hangman.ChannelHangman.GetWordCooldown | data/hangman.js:58-64 | as the letter cooldown, on the word map |
| Hangman.ChannelHangman.SetWordCooldown | data/hangman.js:71-73 | only the user's entry of the word map changes, to the given time |
| Hangman.ChannelHangman.ResetCooldowns | data/hangman.js:78-85 | the key-deleting loops leave both maps empty and change nothing else |
| Hangman.ChannelHangman.SetStarted | data/hangman.js:99-101 | `started` takes the given value; nothing else changes |
| Hangman.ChannelHangman.LoseALive | data/hangman.js:115-117 | lives go down by exactly one; nothing else changes |
| Hangman.ChannelHangman.ResetLives | data/hangman.js:122-124 | lives become 6; nothing else changes |
| Hangman.ChannelHangman.GetGuessed | data/hangman.js:131-133 | the text is empty for no guesses; otherwise every guess sits, in order, at its offset, each but the last followed by ", ", and the text ends with the last guess |
| Hangman.ChannelHangman.IsInGuessed | data/hangman.js:140-142 | true exactly when the string is one of the guesses |
| Hangman.ChannelHangman.AddGuessed | data/hangman.js:148-151 | the guesses become the sorted permutation of the old guesses plus the string: one longer, containing it, sorted |
| Hangman.ChannelHangman.ResetGuessed | data/hangman.js:156-158 | the guesses become empty; nothing else changes |
| Hangman.ChannelHangman.SetWord | data/hangman.js:173-175 | the word takes the given value; nothing else changes |
| Hangman.ChannelHangman.SetProgress | data/hangman.js:197-199 | the progress array takes the given value, holes included; nothing else changes |
| Hangman.ChannelHangman.GetProgress | data/hangman.js:189-191 | `progress.join('')` is no longer than the array, and for a hole-free array it is exactly its characters |
| Hangman.ChannelHangman.CheckLetterGuess | data/hangman.js:206-215 | the loop leaves the progress as `RevealedSlots` of the word and the old progress, growing a shorter array as JavaScript does, and returns how many positions of the word hold the letter |
| Hangman.RevealedSlots | data/hangman.js:206-215 | the progress after the loop has visited the word's letters; a specification function with no contract of its own, described by the two lemmas below |
| Hangman.RevealedSlotsPositions | data/hangman.js:206-215 | every position holding the letter then holds it; every other slot keeps its old value or is a hole where the array grew; the array grows only up to the last match, and not at all when it was as long as the word |
| Hangman.RevealedSlotsOfString | data/hangman.js:206-215 | on a hole-free progress at least as long as the word, the array reveal is the string reveal `Guesses.Revealed` |
| Hangman.TextOfSlots | data/hangman.js:189-191 | joining a hole-free progress gives back its characters |
| HangmanCommands.IsGuess | commands/hangman-commands.js:74 | a message is a guess exactly when its first token is "!guess" |
| HangmanCommands.StartStep | commands/hangman-commands.js:32-59 | `hangmanStart` as a function of the round and the selected word; no contract of its own, its properties are `StartFromIdle` and `StartWhileStartedChangesNothing` |
| HangmanCommands.EndStep | commands/hangman-commands.js:66-71 | `hangmanEnd` as a function of the round; no contract of its own, its property is `EndOnlyStops` |
| HangmanCommands.GuessStep | commands/hangman-commands.js:82-158 | `hangmanGuess` as a function of the round and the message; no contract of its own, its properties are the guess lemmas below |
| HangmanCommands.LetterStep | commands/hangman-commands.js:94-133 | the letter branch: record, reveal, judge; no contract of its own, stated by `LetterGuessReveals` and `MissCostsOneLife` |
| HangmanCommands.LetterVerdict | commands/hangman-commands.js:111-133 | the verdict on a recorded letter; no contract of its own, stated by `WinIsExact` and `MissCostsOneLife` |
| HangmanCommands.WordStep | commands/hangman-commands.js:134-153 | the word branch; no contract of its own, stated by `WinIsExact` and `MissCostsOneLife` |
| HangmanCommands.InitialInv | commands/hangman-commands.js:16-25 | the initial values of the module's variables satisfy the round invariant (lives 0 to 6, at least 1 while running, progress as long as the word, guesses sorted) |
| HangmanCommands.StartWhileStartedChangesNothing | commands/hangman-commands.js:34-36 | `!start` during a round changes no state and replies that a game is in progress |
| HangmanCommands.StartFromIdle | commands/hangman-commands.js:37-57 | `!start` from idle gives a started round with 6 lives, no guesses, the upper-cased word, a progress of '-' as long as the word, and keeps the invariant |
| HangmanCommands.EndOnlyStops | commands/hangman-commands.js:66-71 | `!end` sets `started` to false and touches nothing else; when idle it does nothing and says nothing |
| HangmanCommands.RejectedGuessChangesNothing | commands/hangman-commands.js:85-93 | a guess with no game, the wrong shape or an already guessed upper-cased token leaves the round unchanged |
| HangmanCommands.AcceptedGuessRecordsToken | commands/hangman-commands.js:94-100 | an accepted guess adds exactly its upper-cased token to the guesses, which stay sorted, and never changes the word |
| HangmanCommands.LetterGuessReveals | commands/hangman-commands.js:103-109 | an accepted letter reveals exactly its positions, and a found-letter reply reports that positive count |
| HangmanCommands.MissCostsOneLife | commands/hangman-commands.js:122-133 | a missed letter or a wrong word costs exactly one life and the round ends exactly when none is left; a hit costs nothing |
| HangmanCommands.WinIsExact | commands/hangman-commands.js:111-116 | the round is won exactly when a letter completes the progress or the word equals the target; a win keeps the lives, and a word win leaves the progress |
| HangmanCommands.GuessKeepsInv | commands/hangman-commands.js:82-158 | every guess keeps the round invariant, so a running round always has 1 to 6 lives |
| HangmanCommands.RepeatedGuessIsRejected | commands/hangman-commands.js:91-93 | repeating an accepted guess while the round runs is rejected as already guessed and changes nothing |
| HangmanCommands.Game.constructor | commands/hangman-commands.js:5-25 | the module's variables start as an idle round with 6 lives, empty maps, and cooldowns of 30000 and 90000 ms |
| HangmanCommands.Game.Start | commands/hangman-commands.js:32-59 | `hangmanStart` performs the start step and keeps the invariant |
| HangmanCommands.Game.End | commands/hangman-commands.js:66-71 | `hangmanEnd` performs the end step and keeps the invariant |
| HangmanCommands.Game.Guess | commands/hangman-commands.js:82-158 | `hangmanGuess` performs the guess step and keeps the invariant |
| HangmanCommands.Game.GuessLetter | commands/hangman-commands.js:94-133 | the letter branch records, reveals and judges the letter as the letter step says |
| HangmanCommands.Game.JudgeLetter | commands/hangman-commands.js:111-133 | judging a letter found `times` times: win when the progress is complete, otherwise a found reply; on zero, one life less and the round ends at zero lives |
| HangmanCommands.Game.Reveal | commands/hangman-commands.js:103-109 | the reveal loop leaves the progress revealed at exactly the letter's positions and counts them |
| HangmanCommands.Game.GuessWord | commands/hangman-commands.js:134-153 | the word branch records the word, then wins, or costs one life and ends at zero lives, as the word step says |
| Scoreboard.IndexOfId | data/scores.js:82 | the first index holding the id, or the length when there is none |
| Scoreboard.IndexOfWins | data/scores.js:146 | `findIndex` by wins: the first index with that many wins, or the length |
| Scoreboard.Upsert | data/scores.js:81-98 | afterwards the id is on the board; the board keeps its length for a known id and grows by one otherwise; entries of other ids stay where they were |
| Scoreboard.UpsertExisting | data/scores.js:83-90 | a known id keeps the list's length and order; its first entry gets the new name and one more win, the others are unchanged |
| Scoreboard.UpsertNew | data/scores.js:91-98 | an unknown id appends exactly `{id, user, 1}` after the unchanged entries |
| Scoreboard.UpsertAddsOneWin | data/scores.js:81-98 | an upsert adds exactly one win to the board's total |
| Scoreboard.UpsertKeepsIdsUnique | data/scores.js:81-98 | an upsert keeps ids unique and leaves the id on the board |
| Scoreboard.InsertDesc | data/scores.js:99 | inserting an entry adds exactly that entry to the board's multiset |
| Scoreboard.SortDesc | data/scores.js:99 | the sort by wins is a permutation of the board |
| Scoreboard.InsertDescSorted | data/scores.js:99 | inserting into a board sorted by wins keeps it sorted |
| Scoreboard.SortDescSorted | data/scores.js:99 | the sorted board is non-increasing in wins |
| Scoreboard.SortDescOfSorted | data/scores.js:142 | sorting an already sorted board changes nothing (the sort is stable) |
| Scoreboard.InsertDescSum | data/scores.js:99 | inserting adds the entry's wins to the total |
| Scoreboard.SortDescSum | data/scores.js:99 | sorting keeps the total of wins |
| Scoreboard.InsertDescUnique | data/scores.js:99 | inserting an entry with a new id keeps ids unique |
| Scoreboard.SortDescUnique | data/scores.js:99 | sorting keeps ids unique |
| Scoreboard.SortDescKeepsIds | data/scores.js:99 | an id on the board is still there after sorting |
| Scoreboard.UpsertThenSort | data/scores.js:81-100 | upsert then sort gives a sorted board holding the id, with one more win in total and unique ids kept |
| Scoreboard.WinsAndPlace | data/scores.js:141-151 | the place is -1 exactly for an unknown id; otherwise it lies between 1 and the board's length and the wins are those of an entry with the id |
| Scoreboard.WinsAndPlaceOfEntry | data/scores.js:141-151 | an unknown id gives `[0, -1]`; a known id gives its entry's wins and a place between 1 and its own 1-based position |
| Scoreboard.TiesSharePlace | data/scores.js:146-147 | two players with the same wins get the same place |
| Scoreboard.PlaceIsRank | data/scores.js:141-151 | on a sorted board every entry before the place has more wins and every entry from it on has at most as many |
| Scoreboard.Render | data/scores.js:159 | an entry's text is the user's name and ": ", then a figure that `parseInt` reads back as the entry's wins, and ends with " wins" |
| Scoreboard.Renders | data/scores.js:159 | the map renders each entry in order, one text per entry |
| Scoreboard.TopTen | data/scores.js:157-161 | the rendering of each of the first ten entries, in order, sits at its offset of the text, separated by ", ", and the text ends right after the last of them |
| Scoreboard.TopTenStartsWithLeader | data/scores.js:157-161 | the top-ten text is empty exactly for an empty board and otherwise starts with the first entry's text |
| Scoreboard.TopTenShowsTen | data/scores.js:159 | only the first ten entries show |
| Scores.ChannelScores.constructor | data/scores.js:19-24 | a new ledger has the id, no wins, no games and an empty board, and is consistent |
| Scores.ChannelScores.GetScoresJSON | data/scores.js:30-38 | the JSON object carries id, wins, total and board as they are |
| Scores.ChannelScores.SetScoresJSON | data/scores.js:44-49 | afterwards the ledger reads back exactly the given object, so setting what was read changes nothing |
| Scores.ChannelScores.AddToScoreBoard | data/scores.js:81-100 | the board becomes the sorted upsert: sorted, holding the id, one more win in total, unique ids kept |
| Scores.ChannelScores.AddWin | data/scores.js:113-118 | on any ledger, wins and games each go up by one and the winner is upserted into the board, which is then sorted; a consistent ledger stays consistent |
| Scores.ChannelScores.AddTotal | data/scores.js:131-134 | on any ledger, games go up by one and nothing else changes; a consistent ledger stays consistent |
| Scores.ChannelScores.SortBoard | data/scores.js:142 | the in-place sort leaves the board sorted by wins and leaves an already sorted board as it is |
| Scores.ChannelScores.GetWinsAndPlaceById | data/scores.js:141-151 | sorts the board, then returns the wins and place that the rank lemmas describe |
| Scores.ChannelScores.GetTopTen | data/scores.js:157-161 | sorts the board, then returns the first ten entries rendered and joined by ", " |
| Scores.ChannelScores.GetChannelWins | data/scores.js:167-169 | returns wins and games, and a consistent ledger never reports more wins than games |
| LegacyScores.ChannelScores.constructor | data/model/scores.js:19-24 | a new ledger has the id, no wins, no games and an empty board, and is consistent |
| LegacyScores.ChannelScores.GetScoresJSON | data/model/scores.js:30-38 | the JSON object carries id, wins, total and board as they are |
| LegacyScores.ChannelScores.SetScoresJSON | data/model/scores.js:44-49 | afterwards the ledger reads back exactly the given object |
| LegacyScores.ChannelScores.AddToScoreBoard | data/model/scores.js:81-98 | a known id keeps the length; an unknown id is appended as `{id, user, 1}` after the unchanged entries; one more win in total; unique ids kept |
| LegacyScores.ChannelScores.AddWin | data/model/scores.js:111-116 | on any ledger, wins and games each go up by one and the winner is upserted; a consistent ledger stays consistent |
| LegacyScores.ChannelScores.AddTotal | data/model/scores.js:129-132 | on any ledger, games go up by one; a consistent ledger stays consistent |
| Settings.OnOff | data/settings.js:177-178 | the text is "ON" exactly for true and "OFF" exactly for false |
| Settings.SettingsText | data/settings.js:176-180 | the `printSettings` text: its words joined by spaces; no contract of its own, `SettingsTextSplits` and `SettingsTextReadsBack` state what it says |
| Settings.SettingsWordsSpaceFree | data/settings.js:176-180 | the settings text is sixteen words, none holding a space |
| Settings.SettingsTextSplits | data/settings.js:176-180 | splitting the settings text at spaces gives back its words |
| Settings.SettingsWordsParse | data/settings.js:176-180 | `parseInt` of the two number words gives back the two cooldowns |
| Settings.SettingsTextReadsBack | data/settings.js:176-180 | the printed text's fourth and ninth words parse to the cooldowns, and its thirteenth and sixteenth words show the switches as ON/OFF |
| Settings.ChannelSettings.constructor | data/settings.js:22-28 | defaults are letter 30, word 60, sub-only off and auto off, within range |
| Settings.ChannelSettings.GetSettingJSON | data/settings.js:34-43 | the JSON object carries all five fields as they are |
| Settings.ChannelSettings.SetSettingJSON | data/settings.js:49-55 | afterwards the settings read back exactly the given object |
| Settings.ChannelSettings.SetLetterCooldown | data/settings.js:94-102 | changes exactly when the value is in 0..3600 and differs from the current one; the field is then the value, else unchanged; the range is kept |
| Settings.ChannelSettings.SetWordCooldown | data/settings.js:116-124 | as the letter setter, on the word cooldown |
| Settings.ChannelSettings.SetSubOnly | data/settings.js:139-147 | reports a change exactly when the value differs; afterwards the field is the value either way |
| Settings.ChannelSettings.SetAuto | data/settings.js:162-170 | as `SetSubOnly`, on the automatic restart |
| Settings.ChannelSettings.PrintSettings | data/settings.js:176-180 | the printed text splits into sixteen words from which both cooldowns and both switches read back |
| LegacySettings.BoolText | data/model/settings.js:202 | a boolean is written "true" or "false" |
| LegacySettings.SettingsText | data/model/settings.js:201-203 | the older `printSettings` text; no contract of its own, `SettingsTextSplits` and `SettingsTextReadsBack` state what it says |
| LegacySettings.SettingsWordsSpaceFree | data/model/settings.js:201-203 | the older settings text is thirteen words, none holding a space |
| LegacySettings.SettingsTextSplits | data/model/settings.js:201-203 | splitting the text at spaces gives back its words |
| LegacySettings.SettingsWordsParse | data/model/settings.js:201-203 | `parseInt` of each cooldown word stops at its final '.' and gives back the cooldown |
| LegacySettings.SettingsTextReadsBack | data/model/settings.js:201-203 | the text's fourth and eighth words parse to the cooldowns, and its eleventh and thirteenth show the two switches |
| LegacySettings.ChannelSettings.constructor | data/model/settings.js:15-25 | the fields take the arguments, which default to 30, 90, false and false |
| LegacySettings.ChannelSettings.GetSettingJSON | data/model/settings.js:31-39 | the JSON object carries all four fields as they are |
| LegacySettings.ChannelSettings.SetSettingJSON | data/model/settings.js:45-50 | afterwards the settings read back exactly the given object |
| LegacySettings.ChannelSettings.SetLetterCooldown | data/model/settings.js:92-100 | changes exactly when the value is in 0..999, even when equal to the current one; otherwise the field is unchanged |
| LegacySettings.ChannelSettings.SetWordCooldown | data/model/settings.js:115-123 | as the letter setter, on the word cooldown |
| LegacySettings.ChannelSettings.GetSubOnly | data/model/settings.js:177-179 | the effective (last) definition returns `autoPlay` |
| LegacySettings.ChannelSettings.SetSubOnly | data/model/settings.js:187-195 | the effective definition reports a change exactly when `autoPlay` differs from the value and leaves `autoPlay` equal to it; `subOnly` is never written |
| LegacySettings.ChannelSettings.PrintSettings | data/model/settings.js:201-203 | the printed text splits into thirteen words from which both cooldowns and both switches read back |
| SettingCommands.IsLetterCooldown | commands/setting-commands.js:19 | matches exactly when the first token is "!letter" |
| SettingCommands.IsWordCooldown | commands/setting-commands.js:41 | matches exactly when the first token is "!word" |
| SettingCommands.IsAutoPlayTimer | commands/setting-commands.js:63 | matches exactly when the first token is the timer command word |
| SettingCommands.IsSubOnly | commands/setting-commands.js:84 | matches exactly when the first token is "!subonly" |
| SettingCommands.IsAuto | commands/setting-commands.js:111 | matches exactly when the first token is "!auto" |
| SettingCommands.IsError | commands/setting-commands.js:138 | matches exactly when the first token is the error command word |
| SettingCommands.IsWinMessage | commands/setting-commands.js:165 | matches exactly when the first token is the win-message command word |
| SettingCommands.NumberRequestOf | commands/setting-commands.js:25-38 | the bare word only shows the value; a set request needs no running game and a number `parseInt` reads from the argument; a blocked request only arises while blocking applies; anything but one argument is ignored |
| SettingCommands.SecondPartIsAfterFirstSpace | commands/setting-commands.js:26-31 | the second part of a two-part message is the text after its first space |
| SettingCommands.NumberRequestCases | commands/setting-commands.js:27-36 | the bare word shows the value; one argument is blocked while a game runs, otherwise it is set when `parseInt` reads it and invalid when it does not |
| SettingCommands.ExtraArgumentsIgnored | commands/setting-commands.js:29 | two or more arguments give no reply and no change |
| SettingCommands.ToggleRequestOf | commands/setting-commands.js:90-108 | only a single argument of exactly "on" or "off" turns a switch, "on" meaning on; the bare word shows it; anything else is ignored |
| SettingCommands.SettingLetterCooldown | commands/setting-commands.js:25-38 | the letter cooldown changes only for one argument that parses, while no game runs, to a new value in range; the reply follows the request and the setter's answer |
| SettingCommands.SettingWordCooldown | commands/setting-commands.js:47-60 | as the letter handler, on the word cooldown |
| SettingCommands.SettingAutoPlayTimer | commands/setting-commands.js:69-81 | never blocked by a game; the setter is called exactly for one argument that `parseInt` reads; the bare word shows the current timer; an accepted number announces the new value; an unreadable or refused number is invalid usage; two or more arguments get no reply |
| SettingCommands.SettingSubOnly | commands/setting-commands.js:90-108 | the switch takes the requested state only for "on"/"off"; the reply says turned or already turned |
| SettingCommands.SettingAuto | commands/setting-commands.js:117-135 | as the sub-only handler, on the automatic restart |
| SettingCommands.SettingError | commands/setting-commands.js:144-162 | the setter is called exactly for "on"/"off", with the requested state; the bare word shows the current state; the reply is "turned" when the setter reports a change and "already turned" otherwise; any other message gets no reply |
| SettingCommands.SettingWinMessage | commands/setting-commands.js:171-187 | the bare word calls no setter and replies "no custom message" when none is stored, else shows the stored one; any other message with a space stores the text after the first space and announces it; one without a space does nothing |
| SettingCommands.WinMessageStoresText | commands/setting-commands.js:181-185 | "<word> <text>" stores `text` verbatim, spaces and all |
| SettingCommands.ClearingWinMessage | commands/setting-commands.js:193-196 | the win message is always cleared and the deletion announced |
| SettingCommands.ShowSettings | commands/setting-commands.js:202-204 | the reply is the settings text, from which both cooldowns read back |
| Routing.Lookup | client/new-hangman-client.js:116-119 | a handler is found exactly when the key is in the table, and it is the table's entry |
| Routing.IsErrorKey | commands/setting-commands.js:138 | with the error word undefined nothing matches; otherwise the first token must be the word |
| Routing.KeyOf | client/new-hangman-client.js:91 | an undefined command word becomes the key "undefined"; a specification function with no contract of its own |
| Routing.ClientAdminTable | client/new-hangman-client.js:86-93 | the admin handler table, a later key replacing an earlier equal one; no contract of its own |
| Routing.ClientAdminKey | client/new-hangman-client.js:95-115 | the `switch (true)` over the setting classifiers; no contract of its own |
| Routing.ClientChatTable | client/new-hangman-client.js:124-134 | the table of commands for everybody; no contract of its own |
| Routing.ClientChatKey | client/new-hangman-client.js:136-147 | "!guess" for a guess; otherwise no key (the TypeError of calling the undefined `isHangmanResetScores`) exactly when the classifier is missing, and with a classifier "!resetscores" when it matches, else the message |
| Routing.ClientRoute | client/new-hangman-client.js:73-152 | the listener's routing decision, the chat lookup skipped when the chat switch throws; no contract of its own, its properties are the `Client…` lemmas below |
| Routing.ClientIgnoresSelfAndChatter | client/new-hangman-client.js:75-79 | the bot's own messages and messages not starting with "!" reach no handler |
| Routing.ClientAdminGate | client/new-hangman-client.js:84-120 | setting handlers are reached only by admins |
| Routing.ClientChatIgnoresUser | client/new-hangman-client.js:122-151 | the chat handler reached does not depend on who writes the message |
| Routing.ClientAdminOrder | client/new-hangman-client.js:96-119 | for an admin the classifiers win in the order letter, word, sub-only, auto, error |
| Routing.ClientErrorUnreachable | client/new-hangman-client.js:86-119 | with the error word undefined, as utils/commands.js ships, the error handler is never reached |
| Routing.ClientSettingsExactly | client/new-hangman-client.js:112-119 | without a classifier match only the exact message "!settings" reaches a setting handler, the settings display |
| Routing.ClientGuessRouting | client/new-hangman-client.js:137-151 | every message whose first token is "!guess" reaches the guess handler |
| Routing.ClientAsShipped | client/new-hangman-client.js:136-151 | with `isHangmanResetScores` undefined, as the listener imports it, a message reaches a chat handler exactly when its first token is "!guess", and then the guess handler; "!start", "!end" and the rest reach none; the admin handler is the one chosen with any classifier |
| Routing.ClientChatExactly | client/new-hangman-client.js:124-151 | with a reset-scores classifier in place, other commands reach a chat handler only when the message is exactly the command word ("!start now" starts nothing); "!start" and "!end" need no admin |
| Routing.LegacyAdminTable | commands/new-hangman-client.js:77-83 | the older admin handler table; no contract of its own |
| Routing.LegacyAdminKey | commands/new-hangman-client.js:85-102 | the older `switch (true)` over the setting classifiers; no contract of its own |
| Routing.LegacyChatTable | commands/new-hangman-client.js:110-114 | the older table of commands for everybody; no contract of its own |
| Routing.LegacyChatKey | commands/new-hangman-client.js:116-124 | the older `switch (true)` over `isGuess`; no contract of its own |
| Routing.LegacyRoute | commands/new-hangman-client.js:66-128 | the older listener's routing decision; no contract of its own, its properties are the `Legacy…` lemmas below |
| Routing.LegacyIgnoresSelfAndChatter | commands/new-hangman-client.js:68-70 | the bot's own messages and messages not starting with "!" reach no handler |
| Routing.LegacyAdminGate | commands/new-hangman-client.js:75-106 | setting handlers are reached only by admins |
| Routing.LegacyAdminOrder | commands/new-hangman-client.js:86-104 | for an admin the classifiers win in the order letter, word, sub-only, auto |
| Routing.LegacySettingsExactly | commands/new-hangman-client.js:86-105 | without a classifier match only the exact message "!settings" reaches a setting handler |
| Routing.LegacyChatRouting | commands/new-hangman-client.js:110-127 | the chat table holds only start, end and guess; guess by its first token, start and end only by the exact word |
| Names.NameRegistry.constructor | data/name-functions.js:5 | the registry starts empty |
| Names.NameRegistry.HasId | data/name-functions.js:8 | true exactly when the id is a key of the registry |
| Names.NameRegistry.GetName | data/name-functions.js:11-17 | the stored name for a known id, null for an unknown one |
| Names.NameRegistry.AddName | data/name-functions.js:20-25 | inserts an absent id with its name and never overwrites a stored name |
| Names.NameRegistry.TransferName | data/name-functions.js:28-33 | renames a present id, never adds a key, and changes no other entry |
| Names.NameRegistry.DeleteName | data/name-functions.js:36-41 | removes exactly that id; a no-op when it is absent |
| Names.NameRegistry.LoadNameIdData | data/name.js:47-56 | a successful load replaces the registry and returns it; a failed one returns null and leaves the registry unchanged |
| Names.NameRegistry.NameIsEmpty | data/name.js:68-70 | true exactly when no id is registered |
| Users.IsAdmin | utils/users.js:6-8 | an admin has badges including broadcaster or moderator |
| Users.IsSub | utils/users.js:15-17 | a subscriber has badges including subscriber or founder |
| Users.NoBadgesNoRights | utils/users.js:7 | a user without badges is neither admin nor subscriber |
| Users.BadgesAreSeparate | utils/users.js:16 | subscriber or founder badges alone never make an admin, and broadcaster or moderator badges alone never make a subscriber |
| Numbers.JsRem | utils/numbers.js:7-8 | JavaScript's `%` keeps the dividend's sign and lies strictly between `-m` and `m` |
| Numbers.Suffix | utils/numbers.js:9-18 | "st" exactly for last digit 1 outside 11, "nd" for 2 outside 12, "rd" for 3 outside 13, "th" otherwise |
| Numbers.OrdinalSuffix | utils/numbers.js:6-19 | the text is the decimal form of the number followed by its two-letter suffix |
| Numbers.TeensTakeTh | utils/numbers.js:9-18 | numbers ending in 11, 12 or 13 take "th" |
| Numbers.OtherEndingsTakeTh | utils/numbers.js:18 | negative numbers and last digits 0 or 4 to 9 take "th" |
| Numbers.OneHundredEleventh | utils/numbers.js:6-19 | 111 is written "111th" |
| WinMessage.WinMessageBuilder | utils/strings.js:6-8 | the length grows by the name's length minus five for each placeholder found; its contents are stated by `FirstPlaceholderReplaced` and `NoPlaceholderUnchanged` |
| WinMessage.FirstPlaceholderReplaced | utils/strings.js:7 | the first "$user", after text holding none, becomes the winner's name, the text before it stays, and the scan goes on after it; with `NoPlaceholderUnchanged` this fixes the result for every message |
| WinMessage.NoPlaceholderUnchanged | utils/strings.js:7 | a message with no "$user" comes back unchanged |
| WinMessage.InsertedNameNotRescanned | utils/strings.js:7 | the inserted name is not scanned again: a winner named "$user" leaves every message as it is |
| WinMessage.EmptyWinnerDeletes | utils/strings.js:7 | an empty name deletes each placeholder, and the text shrinks by five per placeholder |

## Left out

- Twitch transport is not modelled: connecting, `client.say` and `client.action`. Replies are returned as reply values that carry the figures the chat text shows, not the text itself.
- Logging is not modelled.
- Persistence is not modelled: `loadSettings`, `saveSettings`, `loadScores`, `saveScores`, `saveNameIdData` and their file I/O. A save is a no-op. A load is modelled only through the JSON get/set pair or as an `Option` parameter.
- The dictionary's random word choice and file reads are replaced by the parameter `selectedWord`.
- `convertPercentage` (utils/numbers.js) is left out because it uses floating-point `toFixed`. utils/parameter.js is left out because its checks rely on JavaScript number coercion.
- Streaks, score reset, auto-restart timers and error-message suppression have no source among the files modelled.
- Cooldown enforcement during a guess has no source either; the guess handler never consults cooldowns.
- Routing.ClientRoute: client/new-hangman-client.js:9 imports `isHangmanResetScores` from commands/hangman-commands.js, which does not export it (lines 160-165). The call at line 141 therefore throws a TypeError for every '!' message that is not a guess, after the admin handler has run. The parameter `isResetScores` is `None` for that case, and `Routing.ClientAsShipped` states what follows. `Some(f)` stands for the wiring the listener intends, which `Routing.ClientChatExactly` describes; no definition of that classifier exists in the files modelled. The other missing imports (`hangmanWins`, `hangmanStats`, `hangmanLeaderboard`, `hangmanCurrent`, `hangmanHelp`, `hangmanResetScores`) would throw only once their handler is called; the model stops at the handler it selects.
- Handler bodies are not modelled for the chat handlers the routing reaches other than start, end and guess (wins, stats, leaderboard, current game, help, reset scores). Only which handler is reached is modelled.
- `Routing.LegacyRoute`: the older listener passes no round to the setting handlers, so a one-argument `!letter`/`!word` there fails at run time. The routing model stops at the handler it selects.
- Hangman.ChannelHangman.GetLetterCooldown: requires `now >= 0`, which `Date.now()` always satisfies. The same holds for `GetWordCooldown`.
- HangmanCommands.LetterVerdict: `compareLists(word, progress)` is modelled as equality of the two character lists, because utils/lists.js is not part of this model.
- HangmanCommands.Game.Guess: the last branch of `hangmanGuess` (a generic invalid-usage reply) is unreachable after the shape check, so it is not modelled as a separate reply.
- HangmanCommands.Game.Start: the two clearing loops iterate the numbers `letterCooldown` and `wordCooldown`, which have no keys. They do nothing and are not modelled. The per-user cooldown maps are never read.
- JsString.ToUpper: only ASCII letters are upper-cased. Full Unicode case mapping, which can change a string's length, is not modelled.
- Guesses.SortStrings: strings are ordered by Dafny characters (Unicode scalar values), not UTF-16 code units. The two orders differ only for characters outside the Basic Multilingual Plane.
- HangmanCommands.GuessStep: lengths are counted in characters (Unicode scalar values), while JavaScript's `.length` counts UTF-16 code units. A guess of one character outside the Basic Multilingual Plane, such as an emoji, has length 2 in the source and is judged invalid, or as a word guess when the word has length 2; the model treats it as a one-letter guess. The same holds for `HangmanCommands.Game.Guess`, whose word comes from `Array.from` (code points) but whose progress comes from `Array(selectedWord.length)` (code units).
- Hangman.ChannelHangman: `getStarted`, `getLives`, `getWord` and `getWordLength` only read a field; the model reads the field directly. The word is a string of one character per array slot; data/hangman.js has no caller of `setWord` among the files modelled.
- Scores.ChannelScores.GetScoresJSON: returns a value. The source returns the live scoreboard array, so a caller could alias and mutate it; that is not modelled.
- Scores.ChannelScores.AddToScoreBoard: the stable sort is modelled by a stable insertion sort. Stability itself is not stated as a separate property; only "a sorted board is left unchanged" is.
- Decimal.ParseIntOfIntToString: numbers are unbounded integers. JavaScript numbers are doubles, so beyond 2^53 `parseInt` rounds long digit strings and `wins++` and `total++` stop being exact, and from 1e21 `${n}` writes exponent form ("1e+21"). None of this is modelled. The round-trip holds in JavaScript only within the safe-integer range. No decision of the core changes: the cooldown range checks reject such values. The same holds for `Decimal.IntToString`, `Decimal.ParseInt`, `Scores.ChannelScores.AddWin` and `Scores.ChannelScores.AddTotal`.
- WinMessage.WinMessageBuilder: requires a winner name with no JavaScript replacement patterns (`$$`, `$&`, `` $` ``, `$'`), which `replaceAll` would expand.
- Names.NameRegistry.HasId: JavaScript's `in` also finds inherited keys such as "toString"; the model sees only stored ids.
- Users.IsAdmin: the source returns the falsy `badges` value itself (null or undefined) when there are no badges, and otherwise a boolean; the model returns the boolean that value stands for. The same holds for `Users.IsSub`.
- Routing.ClientAdminOrder: requires that the error command word is none of the other setting words. With such a clash, the later object key would replace the earlier handler in the table.
- Routing.ClientGuessRouting: requires that the reset-scores word is not "!guess", for the same reason.
- SettingCommands.SettingAutoPlayTimer: `setAutoPlayTimer`, `setError`, `setWinMessage` and `clearWinMessage` are not defined in data/settings.js. Their handlers return the setter call they make and take the setter's answer as a parameter; the setters' own rules are not modelled. The same holds for `SettingCommands.SettingError`, `SettingCommands.SettingWinMessage` and `SettingCommands.ClearingWinMessage`.
- Settings.ChannelSettings.PrintSettings: proves that every value reads back from the text. The fixed wording is stated by the text function, not by a separate literal-equality lemma. The same holds for `LegacySettings.ChannelSettings.PrintSettings`.
