/**
 * commands/setting-commands.js: the classifiers of the admin setting commands
 * and their handlers. The letter, word, sub-only and auto handlers work on the
 * settings of data/settings.js and the round of data/hangman.js. The settings
 * the error, auto-play timer and win-message handlers use have no definition
 * in data/settings.js, so those handlers are functions that return the setter
 * call they make and take the setter's answer as a parameter.
 */
module SettingCommands {
  import opened Wrappers
  import opened JsString
  import opened Decimal
  import opened Commands
  import Settings
  import Hangman

  // The classifiers: the first token of the message is the command word.

  function IsLetterCooldown(message: string): (matches: bool)
    ensures matches <==> FirstToken(message) == LETTER_COOLDOWN
  {
    IsCommand(LETTER_COOLDOWN, message)
  }

  function IsWordCooldown(message: string): (matches: bool)
    ensures matches <==> FirstToken(message) == WORD_COOLDOWN
  {
    IsCommand(WORD_COOLDOWN, message)
  }

  function IsSubOnly(message: string): (matches: bool)
    ensures matches <==> FirstToken(message) == SUB_ONLY
  {
    IsCommand(SUB_ONLY, message)
  }

  function IsAuto(message: string): (matches: bool)
    ensures matches <==> FirstToken(message) == AUTO
  {
    IsCommand(AUTO, message)
  }

  /** The command words of the next three are not defined in utils/commands.js; they are parameters here. */
  function IsAutoPlayTimer(timerWord: string, message: string): (matches: bool)
    ensures matches <==> FirstToken(message) == timerWord
  {
    IsCommand(timerWord, message)
  }

  function IsError(errorWord: string, message: string): (matches: bool)
    ensures matches <==> FirstToken(message) == errorWord
  {
    IsCommand(errorWord, message)
  }

  function IsWinMessage(winWord: string, message: string): (matches: bool)
    ensures matches <==> FirstToken(message) == winWord
  {
    IsCommand(winWord, message)
  }

  /** What a numeric setting command asks for. */
  datatype NumberRequest =
    | ShowNumber            // the bare command word
    | Blocked               // one argument while a game runs
    | SetNumber(n: int)     // one argument that `parseInt` reads
    | InvalidNumber         // one argument that `parseInt` cannot read (NaN)
    | IgnoredNumber         // anything else: no reply

  /**
   * The decision of `settingLetterCooldown`, `settingWordCooldown` and
   * `settingAutoPlayTimer`: `blocking` is whether `canChangeSettings` applies
   * and finds a game running (the timer handler never asks).
   */
  function NumberRequestOf(word: string, message: string, blocking: bool): (request: NumberRequest)
    ensures request == ShowNumber <==> message == word
    ensures request.SetNumber? ==> !blocking && ParseInt(AfterFirstSpace(message)) == Some(request.n)
    ensures request == Blocked ==> blocking
    ensures request == IgnoredNumber <==> message != word && |Split(message)| != 2
  {
    var splitMessage := Split(message);
    if message == word then ShowNumber
    else if |splitMessage| == 2 then
      if blocking then Blocked
      else
        match ParseInt(splitMessage[1])
        case None => InvalidNumber
        case Some(n) => SetNumber(n)
    else IgnoredNumber
  }

  /** The argument of a two-part message is the text after its first space. */
  lemma SecondPartIsAfterFirstSpace(message: string)
    requires |Split(message)| == 2
    ensures Split(message)[1] == AfterFirstSpace(message)
  {
  }

  /** A command word alone, followed by one argument or by more. */
  lemma NumberRequestCases(word: string, arg: string, blocking: bool)
    requires word != [] && ' ' !in word && ' ' !in arg
    ensures NumberRequestOf(word, word, blocking) == ShowNumber
    ensures blocking ==> NumberRequestOf(word, word + " " + arg, blocking) == Blocked
    ensures !blocking ==> (NumberRequestOf(word, word + " " + arg, blocking) ==
      match ParseInt(arg) case None => InvalidNumber case Some(n) => SetNumber(n))
  {
    var m := word + " " + arg;
    SplitJoin([word, arg]);
    assert Join([word, arg], " ") == m by {
      assert [word, arg][1..] == [arg];
    }
  }

  /** Two or more arguments: no reply and no change. */
  lemma ExtraArgumentsIgnored(word: string, message: string, blocking: bool)
    requires ' ' !in word && |Split(message)| >= 3
    ensures NumberRequestOf(word, message, blocking) == IgnoredNumber
  {
  }

  /** What a switch command asks for: only the exact, lower-case "on" and "off" count. */
  datatype ToggleRequest = ShowToggle | Turn(on: bool) | IgnoredToggle

  function ToggleRequestOf(word: string, message: string): (request: ToggleRequest)
    ensures request == ShowToggle <==> message == word
    ensures request.Turn? <==> message != word && |Split(message)| == 2 && Split(message)[1] in {"on", "off"}
    ensures request.Turn? ==> (request.on <==> Split(message)[1] == "on")
  {
    var splitMessage := Split(message);
    if message == word then ShowToggle
    else if |splitMessage| == 2 && splitMessage[1] == "off" then Turn(false)
    else if |splitMessage| == 2 && splitMessage[1] == "on" then Turn(true)
    else IgnoredToggle
  }

  /** The chat replies of the setting handlers. */
  datatype SettingReply =
    | Silent
    | ShowsValue(seconds: int)
    | ChangeBlocked
    | ValueChanged(seconds: int)
    | NewValueSet
    | InvalidUsage
    | ShowsState(on: bool)
    | Turned(on: bool)
    | AlreadyTurned(on: bool)
    | NoWinMessage
    | ShowsWinMessage(text: string)
    | WinMessageSet(text: string)
    | WinMessageDeleted
    | ShowsSettings(text: string)

  /** The setter a handler of a setting outside data/settings.js calls. */
  datatype SetterCall = NoCall | SetNumberTo(n: int) | SetFlagTo(on: bool) | SetTextTo(text: string) | ClearText

  /** The reply to a numeric request once the setter has answered. */
  function NumberReply(request: NumberRequest, current: int, accepted: bool, after: int): SettingReply
  {
    match request
    case ShowNumber => ShowsValue(current)
    case Blocked => ChangeBlocked
    case SetNumber(_) => if accepted then ValueChanged(after) else InvalidUsage
    case InvalidNumber => InvalidUsage
    case IgnoredNumber => Silent
  }

  /**
   * `settingLetterCooldown`: the letter cooldown changes only for one
   * argument that parses, while no game runs, to a new value in range.
   */
  method SettingLetterCooldown(settings: Settings.ChannelSettings, game: Hangman.ChannelHangman, message: string)
    returns (reply: SettingReply)
    modifies settings`letterCooldown
    ensures var request := NumberRequestOf(LETTER_COOLDOWN, message, old(game.started));
      var accepted := request.SetNumber? && 0 <= request.n <= Settings.MAX_COOLDOWN && request.n != old(settings.letterCooldown);
      && settings.letterCooldown == (if accepted then request.n else old(settings.letterCooldown))
      && reply == NumberReply(request, old(settings.letterCooldown), accepted, settings.letterCooldown)
  {
    var request := NumberRequestOf(LETTER_COOLDOWN, message, game.started);
    match request {
      case ShowNumber => reply := ShowsValue(settings.letterCooldown);
      case Blocked => reply := ChangeBlocked;
      case SetNumber(n) =>
        var changed := settings.SetLetterCooldown(n);
        reply := if changed then ValueChanged(settings.letterCooldown) else InvalidUsage;
      case InvalidNumber => reply := InvalidUsage;
      case IgnoredNumber => reply := Silent;
    }
  }

  /** `settingWordCooldown`: as the letter handler, on the word cooldown. */
  method SettingWordCooldown(settings: Settings.ChannelSettings, game: Hangman.ChannelHangman, message: string)
    returns (reply: SettingReply)
    modifies settings`wordCooldown
    ensures var request := NumberRequestOf(WORD_COOLDOWN, message, old(game.started));
      var accepted := request.SetNumber? && 0 <= request.n <= Settings.MAX_COOLDOWN && request.n != old(settings.wordCooldown);
      && settings.wordCooldown == (if accepted then request.n else old(settings.wordCooldown))
      && reply == NumberReply(request, old(settings.wordCooldown), accepted, settings.wordCooldown)
  {
    var request := NumberRequestOf(WORD_COOLDOWN, message, game.started);
    match request {
      case ShowNumber => reply := ShowsValue(settings.wordCooldown);
      case Blocked => reply := ChangeBlocked;
      case SetNumber(n) =>
        var changed := settings.SetWordCooldown(n);
        reply := if changed then ValueChanged(settings.wordCooldown) else InvalidUsage;
      case InvalidNumber => reply := InvalidUsage;
      case IgnoredNumber => reply := Silent;
    }
  }

  /**
   * `settingAutoPlayTimer`, never blocked by a running game: the setter is
   * called only with a number `parseInt` reads, and `accepts` is its answer.
   */
  function SettingAutoPlayTimer(timerWord: string, message: string, current: int, accepts: int -> bool): (out: (SetterCall, SettingReply))
    ensures var request := NumberRequestOf(timerWord, message, false);
      && (out.0 != NoCall <==> request.SetNumber?)
      && (out.0.SetNumberTo? ==> ParseInt(AfterFirstSpace(message)) == Some(out.0.n))
      && (out.1 == InvalidUsage <==> request == InvalidNumber || (request.SetNumber? && !accepts(request.n)))
      && (request == ShowNumber ==> out.1 == ShowsValue(current))
      && (request.SetNumber? && accepts(request.n) ==> out.1 == NewValueSet)
      && (request == IgnoredNumber ==> out.1 == Silent)
  {
    match NumberRequestOf(timerWord, message, false)
    case ShowNumber => (NoCall, ShowsValue(current))
    case SetNumber(n) => (SetNumberTo(n), if accepts(n) then NewValueSet else InvalidUsage)
    case InvalidNumber => (NoCall, InvalidUsage)
    case _ => (NoCall, Silent)
  }

  /** The reply to a switch request once the setter has answered whether it changed anything. */
  function ToggleReply(request: ToggleRequest, current: bool, changed: bool): SettingReply
  {
    match request
    case ShowToggle => ShowsState(current)
    case Turn(on) => if changed then Turned(on) else AlreadyTurned(on)
    case IgnoredToggle => Silent
  }

  /** `settingSubOnly`: only "on" and "off" set the switch; the reply says whether it moved. */
  method SettingSubOnly(settings: Settings.ChannelSettings, message: string) returns (reply: SettingReply)
    modifies settings`subOnly
    ensures var request := ToggleRequestOf(SUB_ONLY, message);
      && settings.subOnly == (if request.Turn? then request.on else old(settings.subOnly))
      && reply == ToggleReply(request, old(settings.subOnly), request.Turn? && request.on != old(settings.subOnly))
  {
    var request := ToggleRequestOf(SUB_ONLY, message);
    match request {
      case ShowToggle => reply := ShowsState(settings.subOnly);
      case Turn(on) =>
        var changed := settings.SetSubOnly(on);
        reply := if changed then Turned(on) else AlreadyTurned(on);
      case IgnoredToggle => reply := Silent;
    }
  }

  /** `settingAuto`: as `settingSubOnly`, on the automatic restart. */
  method SettingAuto(settings: Settings.ChannelSettings, message: string) returns (reply: SettingReply)
    modifies settings`autoPlay
    ensures var request := ToggleRequestOf(AUTO, message);
      && settings.autoPlay == (if request.Turn? then request.on else old(settings.autoPlay))
      && reply == ToggleReply(request, old(settings.autoPlay), request.Turn? && request.on != old(settings.autoPlay))
  {
    var request := ToggleRequestOf(AUTO, message);
    match request {
      case ShowToggle => reply := ShowsState(settings.autoPlay);
      case Turn(on) =>
        var changed := settings.SetAuto(on);
        reply := if changed then Turned(on) else AlreadyTurned(on);
      case IgnoredToggle => reply := Silent;
    }
  }

  /** `settingError`: the same decision over the error-message switch, whose setter answers `changes`. */
  function SettingError(errorWord: string, message: string, current: bool, changes: bool -> bool): (out: (SetterCall, SettingReply))
    ensures out.0 != NoCall <==> ToggleRequestOf(errorWord, message).Turn?
    ensures out.0.SetFlagTo? ==> (out.0.on <==> Split(message)[1] == "on")
    ensures out.1 == Silent <==> ToggleRequestOf(errorWord, message) == IgnoredToggle
    ensures var request := ToggleRequestOf(errorWord, message);
      out.1 == ToggleReply(request, current, request.Turn? && changes(request.on))
  {
    match ToggleRequestOf(errorWord, message)
    case ShowToggle => (NoCall, ShowsState(current))
    case Turn(on) => (SetFlagTo(on), if changes(on) then Turned(on) else AlreadyTurned(on))
    case IgnoredToggle => (NoCall, Silent)
  }

  /**
   * `settingWinMessage`: the bare word shows the stored message; any message
   * with a space stores everything after the first space, verbatim.
   */
  function SettingWinMessage(winWord: string, message: string, current: Option<string>): (out: (SetterCall, SettingReply))
    ensures message == winWord ==> out.0 == NoCall
    ensures message == winWord ==> out.1 == (if current.None? then NoWinMessage else ShowsWinMessage(current.value))
    ensures message != winWord && ' ' in message ==>
      out.0.SetTextTo? && FirstToken(message) + " " + out.0.text == message && out.1 == WinMessageSet(out.0.text)
    ensures message != winWord && ' ' !in message ==> out == (NoCall, Silent)
  {
    var splitMessage := Split(message);
    if message == winWord then
      match current
      case None => (NoCall, NoWinMessage)
      case Some(text) => (NoCall, ShowsWinMessage(text))
    else if |splitMessage| >= 2 then
      var newWinMsg := AfterFirstSpace(message);
      (SetTextTo(newWinMsg), WinMessageSet(newWinMsg))
    else (NoCall, Silent)
  }

  /** The text stored by `!winmessage <text>` is `<text>` exactly, spaces and all. */
  lemma WinMessageStoresText(winWord: string, text: string, current: Option<string>)
    requires winWord != [] && ' ' !in winWord
    ensures SettingWinMessage(winWord, winWord + " " + text, current).0 == SetTextTo(text)
  {
    var m := winWord + " " + text;
    assert m[|winWord|] == ' ';
    FirstSpaceAfterHead(winWord, text);
    assert m[|winWord| + 1..] == text;
  }

  /** `clearingWinMessage`: whatever the message, the stored message is cleared and the deletion announced. */
  function ClearingWinMessage(message: string): (out: (SetterCall, SettingReply))
    ensures out.0 == ClearText && out.1 == WinMessageDeleted
  {
    (ClearText, WinMessageDeleted)
  }

  /** `showSettings`: the reply is the settings text, from which every value can be read back. */
  function ShowSettings(settings: Settings.ChannelSettings): (reply: SettingReply)
    reads settings
    ensures reply.ShowsSettings?
    ensures var parts := Split(reply.text);
      |parts| == 16 && ParseInt(parts[3]) == Some(settings.letterCooldown) && ParseInt(parts[8]) == Some(settings.wordCooldown)
  {
    ShowsSettings(settings.PrintSettings())
  }
}
