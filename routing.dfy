/**
 * The routing decision inside the 'message' listeners of
 * client/new-hangman-client.js and commands/new-hangman-client.js: which
 * admin handler and which chat handler a chat message is dispatched to.
 * Each listener picks a key (the first classifier that matches, or the whole
 * message) and looks it up in a table of handlers; an admin's message is
 * looked up in both tables.
 */
module Routing {
  import opened Wrappers
  import opened JsString
  import opened Commands
  import opened Users
  import HangmanCommands
  import SettingCommands

  datatype AdminHandler =
    | LetterCooldownHandler | WordCooldownHandler | SubOnlyHandler | AutoHandler | ErrorHandler | ShowSettingsHandler

  datatype ChatHandler =
    | StartHandler | EndHandler | GuessHandler | WinsHandler | StatsHandler | LeaderboardHandler
    | CurrentHandler | HelpHandler | ResetScoresHandler

  /** At most one handler from each table. */
  datatype Dispatch = Dispatch(admin: Option<AdminHandler>, chat: Option<ChatHandler>)

  const NOTHING := Dispatch(None, None)

  /**
   * A command word the constants of utils/commands.js may lack: `None` is
   * JavaScript's `undefined`, which becomes the key "undefined" in an object
   * literal and never equals a token of a message.
   */
  function KeyOf(word: Option<string>): string
  {
    match word
    case None => "undefined"
    case Some(w) => w
  }

  function Lookup<H>(table: map<string, H>, key: string): (handler: Option<H>)
    ensures handler.Some? <==> key in table
    ensures handler.Some? ==> handler.value == table[key]
  {
    if key in table then Some(table[key]) else None
  }

  /** `isError` with a possibly undefined command word: with none it never matches. */
  function IsErrorKey(errorWord: Option<string>, message: string): (matches: bool)
    ensures matches <==> errorWord.Some? && FirstToken(message) == errorWord.value
  {
    match errorWord
    case None => false
    case Some(w) => SettingCommands.IsError(w, message)
  }

  /** The admin table of client/new-hangman-client.js; a later entry wins over an earlier one with the same key. */
  function ClientAdminTable(errorWord: Option<string>): map<string, AdminHandler>
  {
    map[][LETTER_COOLDOWN := LetterCooldownHandler][WORD_COOLDOWN := WordCooldownHandler]
      [SUB_ONLY := SubOnlyHandler][AUTO := AutoHandler][KeyOf(errorWord) := ErrorHandler]
      [SETTINGS := ShowSettingsHandler]
  }

  /** The `switch (true)` over the setting classifiers in client/new-hangman-client.js. */
  function ClientAdminKey(message: string, errorWord: Option<string>): string
  {
    if SettingCommands.IsLetterCooldown(message) then "!letter"
    else if SettingCommands.IsWordCooldown(message) then "!word"
    else if SettingCommands.IsSubOnly(message) then "!subonly"
    else if SettingCommands.IsAuto(message) then "!auto"
    else if IsErrorKey(errorWord, message) then "!error"
    else message
  }

  /** The table of commands for everybody in client/new-hangman-client.js. */
  function ClientChatTable(resetScoresWord: Option<string>): map<string, ChatHandler>
  {
    map[][START := StartHandler][END := EndHandler][GUESS := GuessHandler][WINS := WinsHandler]
      [STATS := StatsHandler][LEADERBOARD := LeaderboardHandler][HANGMAN := CurrentHandler]
      [HELP := HelpHandler][KeyOf(resetScoresWord) := ResetScoresHandler]
  }

  /**
   * The `switch (true)` over `isGuess` and `isHangmanResetScores`. The second
   * classifier is imported from commands/hangman-commands.js, which does not
   * export it: `None` is that `undefined`, and calling it throws a TypeError,
   * which ends the listener with no key. `Some(f)` is the wiring the listener
   * intends, with `f` the classifier.
   */
  function ClientChatKey(message: string, isResetScores: Option<string -> bool>): (key: Option<string>)
    ensures key.None? <==> !HangmanCommands.IsGuess(message) && isResetScores.None?
    ensures HangmanCommands.IsGuess(message) ==> key == Some(GUESS)
    ensures key.Some? && !HangmanCommands.IsGuess(message) ==>
      key.value == (if isResetScores.value(message) then "!resetscores" else message)
  {
    if HangmanCommands.IsGuess(message) then Some("!guess")
    else match isResetScores
      case None => None
      case Some(f) => Some(if f(message) then "!resetscores" else message)
  }

  /** The listener of client/new-hangman-client.js, lines 73-152. */
  function ClientRoute(self: bool, user: User, message: string, errorWord: Option<string>,
                       resetScoresWord: Option<string>, isResetScores: Option<string -> bool>): Dispatch
  {
    if self then NOTHING
    else if !StartsWith(message, "!") then NOTHING
    else
      var admin := if IsAdmin(user) then Lookup(ClientAdminTable(errorWord), ClientAdminKey(message, errorWord)) else None;
      var key := ClientChatKey(message, isResetScores);
      Dispatch(admin, if key.None? then None else Lookup(ClientChatTable(resetScoresWord), key.value))
  }

  /** The bot's own messages and messages not starting with '!' reach no handler. */
  lemma ClientIgnoresSelfAndChatter(self: bool, user: User, message: string, errorWord: Option<string>,
                                    resetScoresWord: Option<string>, isResetScores: Option<string -> bool>)
    requires self || !StartsWith(message, "!")
    ensures ClientRoute(self, user, message, errorWord, resetScoresWord, isResetScores) == NOTHING
  {
  }

  /** Setting handlers are reached only by admins. */
  lemma ClientAdminGate(user: User, message: string, errorWord: Option<string>,
                        resetScoresWord: Option<string>, isResetScores: Option<string -> bool>)
    requires !IsAdmin(user)
    ensures ClientRoute(false, user, message, errorWord, resetScoresWord, isResetScores).admin == None
  {
  }

  /** The chat handler a message reaches does not depend on who writes it. */
  lemma ClientChatIgnoresUser(user: User, other: User, message: string, errorWord: Option<string>,
                              resetScoresWord: Option<string>, isResetScores: Option<string -> bool>)
    ensures ClientRoute(false, user, message, errorWord, resetScoresWord, isResetScores).chat
         == ClientRoute(false, other, message, errorWord, resetScoresWord, isResetScores).chat
  {
  }

  /** For an admin the classifiers win in the order letter, word, sub-only, auto, error. */
  lemma ClientAdminOrder(user: User, message: string, errorWord: Option<string>,
                         resetScoresWord: Option<string>, isResetScores: Option<string -> bool>)
    requires IsAdmin(user) && StartsWith(message, "!")
    requires errorWord.Some? ==> errorWord.value !in {LETTER_COOLDOWN, WORD_COOLDOWN, SUB_ONLY, AUTO, SETTINGS}
    ensures var admin := ClientRoute(false, user, message, errorWord, resetScoresWord, isResetScores).admin;
      && (FirstToken(message) == LETTER_COOLDOWN ==> admin == Some(LetterCooldownHandler))
      && (FirstToken(message) == WORD_COOLDOWN ==> admin == Some(WordCooldownHandler))
      && (FirstToken(message) == SUB_ONLY ==> admin == Some(SubOnlyHandler))
      && (FirstToken(message) == AUTO ==> admin == Some(AutoHandler))
      && ((FirstToken(message) !in {LETTER_COOLDOWN, WORD_COOLDOWN, SUB_ONLY, AUTO} && errorWord == Some("!error")
           && FirstToken(message) == "!error") ==> admin == Some(ErrorHandler))
  {
  }

  /**
   * With the error command word undefined, as utils/commands.js ships, the
   * error handler is never reached: no message starting with '!' is the key "undefined".
   */
  lemma ClientErrorUnreachable(user: User, message: string,
                               resetScoresWord: Option<string>, isResetScores: Option<string -> bool>)
    requires StartsWith(message, "!")
    ensures ClientRoute(false, user, message, None, resetScoresWord, isResetScores).admin != Some(ErrorHandler)
  {
    var key := ClientAdminKey(message, None);
    assert key != "undefined" by {
      if key == message {
        assert message[0] == '!';
      } else {
        assert |key| < 9;
      }
    }
    ErrorEntry(None, key);
  }

  /** Only the error command word's key holds the error handler. */
  lemma ErrorEntry(errorWord: Option<string>, key: string)
    ensures Lookup(ClientAdminTable(errorWord), key) == Some(ErrorHandler) ==> key == KeyOf(errorWord)
  {
  }

  /** Without a classifier match only "!settings", exactly, reaches a setting handler. */
  lemma ClientSettingsExactly(user: User, message: string, errorWord: Option<string>,
                              resetScoresWord: Option<string>, isResetScores: Option<string -> bool>)
    requires IsAdmin(user) && StartsWith(message, "!")
    requires errorWord.Some? ==> ' ' !in errorWord.value
    requires FirstToken(message) !in {LETTER_COOLDOWN, WORD_COOLDOWN, SUB_ONLY, AUTO} && !IsErrorKey(errorWord, message)
    ensures var admin := ClientRoute(false, user, message, errorWord, resetScoresWord, isResetScores).admin;
      (admin.Some? <==> message == SETTINGS) && (admin.Some? ==> admin.value == ShowSettingsHandler)
  {
    WordsAreTokens();
    assert ClientAdminKey(message, errorWord) == message;
    assert message != LETTER_COOLDOWN && message != WORD_COOLDOWN && message != SUB_ONLY && message != AUTO;
    assert message != KeyOf(errorWord) by {
      if errorWord.None? {
        assert message[0] == '!';
      }
    }
  }

  /** Every message whose first token is "!guess" reaches the guess handler. */
  lemma ClientGuessRouting(user: User, message: string, errorWord: Option<string>,
                           resetScoresWord: Option<string>, isResetScores: Option<string -> bool>)
    requires StartsWith(message, "!") && FirstToken(message) == GUESS
    requires resetScoresWord != Some(GUESS)
    ensures ClientRoute(false, user, message, errorWord, resetScoresWord, isResetScores).chat == Some(GuessHandler)
  {
  }

  /**
   * With a reset-scores classifier in place, any other command reaches a chat
   * handler only when the message is exactly that command's word: "!start now"
   * starts nothing.
   */
  lemma ClientChatExactly(user: User, message: string, errorWord: Option<string>,
                          resetScoresWord: Option<string>, isResetScores: Option<string -> bool>)
    requires StartsWith(message, "!") && FirstToken(message) != GUESS
    requires isResetScores.Some? && !isResetScores.value(message) && message != KeyOf(resetScoresWord)
    ensures var chat := ClientRoute(false, user, message, errorWord, resetScoresWord, isResetScores).chat;
      && (chat == Some(StartHandler) <==> message == START)
      && (chat == Some(EndHandler) <==> message == END)
      && (chat.Some? <==> message in {START, END, WINS, STATS, LEADERBOARD, HANGMAN, HELP})
  {
    WordsAreTokens();
    assert ClientChatKey(message, isResetScores) == Some(message);
  }

  /**
   * As the listener is wired, with `isHangmanResetScores` undefined: "!guess"
   * commands still reach the guess handler, every other '!' message throws
   * before any chat handler is looked up, so "!start", "!end" and the rest
   * reach none, and the admin handler, chosen before the throw, is the same as
   * with any classifier.
   */
  lemma ClientAsShipped(user: User, message: string, errorWord: Option<string>,
                        resetScoresWord: Option<string>, classifier: string -> bool)
    requires StartsWith(message, "!")
    requires resetScoresWord != Some(GUESS)
    ensures var route := ClientRoute(false, user, message, errorWord, resetScoresWord, None);
      && (route.chat.Some? <==> FirstToken(message) == GUESS)
      && (route.chat.Some? ==> route.chat == Some(GuessHandler))
      && route.admin == ClientRoute(false, user, message, errorWord, resetScoresWord, Some(classifier)).admin
  {
    if FirstToken(message) == GUESS {
      ClientGuessRouting(user, message, errorWord, resetScoresWord, None);
    }
  }

  /** The admin table of commands/new-hangman-client.js. */
  function LegacyAdminTable(): map<string, AdminHandler>
  {
    map[][LETTER_COOLDOWN := LetterCooldownHandler][WORD_COOLDOWN := WordCooldownHandler]
      [SUB_ONLY := SubOnlyHandler][AUTO := AutoHandler][SETTINGS := ShowSettingsHandler]
  }

  function LegacyAdminKey(message: string): string
  {
    if SettingCommands.IsLetterCooldown(message) then "!letter"
    else if SettingCommands.IsWordCooldown(message) then "!word"
    else if SettingCommands.IsSubOnly(message) then "!subonly"
    else if SettingCommands.IsAuto(message) then "!auto"
    else message
  }

  function LegacyChatTable(): map<string, ChatHandler>
  {
    map[][START := StartHandler][END := EndHandler][GUESS := GuessHandler]
  }

  function LegacyChatKey(message: string): string
  {
    if HangmanCommands.IsGuess(message) then "!guess" else message
  }

  /** The listener of commands/new-hangman-client.js, lines 66-128. */
  function LegacyRoute(self: bool, user: User, message: string): Dispatch
  {
    if !self && !StartsWith(message, "!") then NOTHING
    else if self then NOTHING
    else
      var admin := if IsAdmin(user) then Lookup(LegacyAdminTable(), LegacyAdminKey(message)) else None;
      Dispatch(admin, Lookup(LegacyChatTable(), LegacyChatKey(message)))
  }

  /** The bot's own messages and messages not starting with '!' reach no handler. */
  lemma LegacyIgnoresSelfAndChatter(self: bool, user: User, message: string)
    requires self || !StartsWith(message, "!")
    ensures LegacyRoute(self, user, message) == NOTHING
  {
  }

  /** The command words hold no space, so each is its own first token. */
  lemma WordsAreTokens()
    ensures forall w | w in {START, END, GUESS, WINS, STATS, LEADERBOARD, HELP, HANGMAN} :: FirstToken(w) == w
    ensures forall w | w in {LETTER_COOLDOWN, WORD_COOLDOWN, SUB_ONLY, AUTO, SETTINGS} :: FirstToken(w) == w
  {
    assert ' ' !in START && ' ' !in END && ' ' !in GUESS && ' ' !in WINS;
    assert ' ' !in STATS && ' ' !in LEADERBOARD && ' ' !in HELP && ' ' !in HANGMAN;
    assert ' ' !in LETTER_COOLDOWN && ' ' !in WORD_COOLDOWN && ' ' !in SUB_ONLY && ' ' !in AUTO && ' ' !in SETTINGS;
  }

  /** Setting handlers are reached only by admins. */
  lemma LegacyAdminGate(user: User, message: string)
    requires !IsAdmin(user)
    ensures LegacyRoute(false, user, message).admin == None
  {
  }

  /** For an admin the classifiers win in the order letter, word, sub-only, auto. */
  lemma LegacyAdminOrder(user: User, message: string)
    requires IsAdmin(user) && StartsWith(message, "!")
    ensures var admin := LegacyRoute(false, user, message).admin;
      && (FirstToken(message) == LETTER_COOLDOWN ==> admin == Some(LetterCooldownHandler))
      && (FirstToken(message) == WORD_COOLDOWN ==> admin == Some(WordCooldownHandler))
      && (FirstToken(message) == SUB_ONLY ==> admin == Some(SubOnlyHandler))
      && (FirstToken(message) == AUTO ==> admin == Some(AutoHandler))
  {
  }

  /** Without a classifier match only "!settings", exactly, reaches a setting handler. */
  lemma LegacySettingsExactly(user: User, message: string)
    requires IsAdmin(user) && StartsWith(message, "!")
    requires FirstToken(message) !in {LETTER_COOLDOWN, WORD_COOLDOWN, SUB_ONLY, AUTO}
    ensures var admin := LegacyRoute(false, user, message).admin;
      (admin.Some? <==> message == SETTINGS) && (admin.Some? ==> admin.value == ShowSettingsHandler)
  {
    WordsAreTokens();
    assert LegacyAdminKey(message) == message;
    assert message != LETTER_COOLDOWN && message != WORD_COOLDOWN && message != SUB_ONLY && message != AUTO;
  }

  /** The chat table holds only start, end and guess; guess goes by `isGuess`, the others by exact match. */
  lemma LegacyChatRouting(user: User, message: string)
    requires StartsWith(message, "!")
    ensures var chat := LegacyRoute(false, user, message).chat;
      && (FirstToken(message) == GUESS <==> chat == Some(GuessHandler))
      && (chat == Some(StartHandler) <==> message == START)
      && (chat == Some(EndHandler) <==> message == END)
      && (chat.Some? ==> chat.value in {StartHandler, EndHandler, GuessHandler})
  {
    if message == START || message == END {
      assert ' ' !in message;
    }
  }
}
