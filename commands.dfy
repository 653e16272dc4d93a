/**
 * The command words of utils/commands.js, and the test every command
 * classifier applies: the message starts with the word and its first
 * space-separated token is exactly the word.
 */
module Commands {
  import opened JsString

  // Hangman commands
  const START := "!start"
  const END := "!end"
  const GUESS := "!guess"
  const WINS := "!wins"
  const STATS := "!stats"
  const LEADERBOARD := "!leaderboard"
  const HELP := "!help"
  const HANGMAN := "!hangman"

  // Setting commands
  const LETTER_COOLDOWN := "!letter"
  const WORD_COOLDOWN := "!word"
  const SUB_ONLY := "!subonly"
  const AUTO := "!auto"
  const SETTINGS := "!settings"

  /**
   * `message.startsWith(word) && message.split(" ")[0] === word`. The first
   * token is always a prefix of the message, so the test is the first token alone.
   */
  function IsCommand(word: string, message: string): (matches: bool)
    ensures matches <==> FirstToken(message) == word
  {
    StartsWith(message, word) && FirstToken(message) == word
  }

  /** A longer word with the command word as prefix is not the command: "!letters" is not "!letter". */
  lemma LongerWordIsNotCommand(word: string, message: string)
    requires ' ' !in message && word < message
    ensures !IsCommand(word, message)
  {
  }
}
